// The methods of the controllers and the transition system say the same: what a reconcile does
// when nothing interrupts it is what a sequence of steps of Lifecycle does. The reconcile of the
// provisioner is in ProvisionerRefinement.
module LifecycleRefinement {
  import opened Common
  import opened Objects
  import opened Store
  import opened Agent
  import opened Lifecycle
  import opened LifecycleInvariant
  import Provisioner
  import Scheduler
  import InstanceController
  import HardwareController
  import Discovery

  /** The event is something a user does; all others happen without users. */
  predicate ByUser(e: Event) {
    || e.CreateInstance? || e.DeleteInstance? || e.ReleaseInstance?
    || e.CreateHardware? || e.EditHardware? || e.DeleteHardware? || e.ReleaseHardware?
  }

  /** The events lead from s to s', and no user takes part. */
  ghost predicate Leads(s: State, events: seq<Event>, s': State)
    decreases |events|
  {
    if events == [] then s' == s
    else !ByUser(events[0]) && exists s1 :: Next(s, events[0], s1) && Leads(s1, events[1..], s')
  }

  lemma OneStep(s: State, e: Event, s1: State, events: seq<Event>, s': State)
    requires Next(s, e, s1) && Leads(s1, events, s') && !ByUser(e)
    ensures Leads(s, [e] + events, s')
  {
    hide Next;
    assert ([e] + events)[0] == e && ([e] + events)[1..] == events;
  }

  lemma LastStep(s: State, e: Event, s': State)
    requires Next(s, e, s') && !ByUser(e)
    ensures Leads(s, [e], s')
  {
    hide Next;
    assert Leads(s', [], s');
    OneStep(s, e, s', [], s');
    assert [e] + [] == [e];
  }

  lemma TwoSteps(s: State, e: Event, s1: State, f: Event, s': State)
    requires Next(s, e, s1) && Next(s1, f, s') && !ByUser(e) && !ByUser(f)
    ensures Leads(s, [e, f], s')
  {
    hide Next;
    LastStep(s1, f, s');
    OneStep(s, e, s1, [f], s');
    assert [e] + [f] == [e, f];
  }

  // ---------------------------------------------------------------- hardware controller

  /** A hardware pass for k in flight. */
  function HardwarePass(s: State, k: Key, tenant: Option<Option<nat>>): State
    requires k in s.api.hardware
  {
    s.(hardwareRuns := s.hardwareRuns[k := HardwareRun(s.api.hardware[k], tenant)])
  }

  lemma HardwareReads(s: State, k: Key)
    requires k in s.api.hardware && k !in s.hardwareRuns
    ensures Next(s, HardwareRead(k), HardwarePass(s, k, None))
  {
    assert HardwareNext(s, HardwareRead(k), HardwarePass(s, k, None));
  }

  lemma HardwareLooks(s: State, k: Key)
    requires k in s.api.hardware && s.api.hardware[k].instanceRef.Some?
    ensures Next(HardwarePass(s, k, None), HardwareLookup(k),
                 HardwarePass(s, k, HardwareController.Tenant(s.api, s.api.hardware[k])))
  {
    var s1, s2 := HardwarePass(s, k, None), HardwarePass(s, k, HardwareController.Tenant(s.api, s.api.hardware[k]));
    assert s2.hardwareRuns == s1.hardwareRuns[k := s2.hardwareRuns[k]];
    assert HardwareNext(s1, HardwareLookup(k), s2);
  }

  lemma HardwareWrites(s: State, k: Key, discoveries: seq<Option<Discovered>>)
    requires k in s.api.hardware && k !in s.hardwareRuns
    ensures Next(HardwarePass(s, k, HardwareController.Tenant(s.api, s.api.hardware[k])), HardwareWrite(k, discoveries),
                 s.(api := HardwareController.ReconcileHardware(s.api, k, discoveries)))
  {
    var tenant := HardwareController.Tenant(s.api, s.api.hardware[k]);
    var s2 := HardwarePass(s, k, tenant);
    HardwareLooksUpTenant(s.api.hardware[k], tenant, discoveries);
    hide HardwareController.Decide, HardwareController.Apply;
    assert s2.hardwareRuns - {k} == s.hardwareRuns;
    assert HardwareNext(s2, HardwareWrite(k, discoveries),
                        s.(api := HardwareController.ReconcileHardware(s.api, k, discoveries)));
  }

  lemma HardwareLooksUpTenant(h: Hardware, tenant: Option<Option<nat>>, discoveries: seq<Option<Discovered>>)
    requires h.instanceRef.Some? ==> tenant.Some?
    ensures !HardwareController.Decide(h, tenant, discoveries).NeedInstance?
  {
  }

  /** HardwareReconciler.Reconcile in steps. */
  lemma HardwareReconcileInSteps(s: State, k: Key, discoveries: seq<Option<Discovered>>) returns (events: seq<Event>)
    requires k !in s.hardwareRuns
    ensures Leads(s, events, s.(api := HardwareController.ReconcileHardware(s.api, k, discoveries)))
  {
    hide HardwareController.Decide, HardwareController.Apply, Next;
    if k !in s.api.hardware {
      return [];
    }
    var s' := s.(api := HardwareController.ReconcileHardware(s.api, k, discoveries));
    HardwareReads(s, k);
    HardwareWrites(s, k, discoveries);
    if s.api.hardware[k].instanceRef.Some? {
      HardwareLooks(s, k);
      TwoSteps(HardwarePass(s, k, None), HardwareLookup(k),
               HardwarePass(s, k, HardwareController.Tenant(s.api, s.api.hardware[k])), HardwareWrite(k, discoveries), s');
      OneStep(s, HardwareRead(k), HardwarePass(s, k, None), [HardwareLookup(k), HardwareWrite(k, discoveries)], s');
      return [HardwareRead(k)] + [HardwareLookup(k), HardwareWrite(k, discoveries)];
    }
    TwoSteps(s, HardwareRead(k), HardwarePass(s, k, None), HardwareWrite(k, discoveries), s');
    return [HardwareRead(k), HardwareWrite(k, discoveries)];
  }

  // ---------------------------------------------------------------- instance controller

  lemma ControllerReads(s: State, k: Key)
    requires k in s.api.instances && k !in s.controllerRuns
    ensures Next(s, ControllerRead(k), s.(controllerRuns := s.controllerRuns[k := s.api.instances[k]]))
  {
    assert ControllerNext(s, ControllerRead(k), s.(controllerRuns := s.controllerRuns[k := s.api.instances[k]]));
  }

  lemma ControllerEnds(s: State, k: Key)
    requires k in s.api.instances && k !in s.controllerRuns
    ensures Next(s.(controllerRuns := s.controllerRuns[k := s.api.instances[k]]),
                 if !InstanceController.Decide(s.api.instances[k]).NoEffect? then ControllerWrite(k) else AbortController(k),
                 s.(api := InstanceController.Reconciled(s.api, k)))
  {
    hide InstanceController.Decide;
    var s1 := s.(controllerRuns := s.controllerRuns[k := s.api.instances[k]]);
    assert s1.controllerRuns - {k} == s.controllerRuns;
    var writes := !InstanceController.Decide(s.api.instances[k]).NoEffect?;
    assert ControllerNext(s1, if writes then ControllerWrite(k) else AbortController(k),
                          s.(api := InstanceController.Reconciled(s.api, k)));
  }

  /** Controller.Reconcile in steps. */
  lemma ControllerReconcileInSteps(s: State, k: Key) returns (events: seq<Event>)
    requires k !in s.controllerRuns
    ensures Leads(s, events, s.(api := InstanceController.Reconciled(s.api, k)))
  {
    hide InstanceController.Decide, Next;
    if k !in s.api.instances {
      return [];
    }
    ControllerReads(s, k);
    ControllerEnds(s, k);
    var last := if !InstanceController.Decide(s.api.instances[k]).NoEffect? then ControllerWrite(k) else AbortController(k);
    TwoSteps(s, ControllerRead(k), s.(controllerRuns := s.controllerRuns[k := s.api.instances[k]]), last,
             s.(api := InstanceController.Reconciled(s.api, k)));
    return [ControllerRead(k), last];
  }

  // ---------------------------------------------------------------- scheduler

  /** A scheduler pass for k without the lock. */
  function Pass(s: State, k: Key): State
    requires k in s.api.instances
  {
    s.(schedulerRuns := s.schedulerRuns[k := Unlocked(s.api.instances[k])])
  }

  /** A scheduler pass for k that holds the lock. */
  function Holding(s: State, k: Key, listed: map<Key, Hardware>, unused: set<string>): State
    requires k in s.api.instances
  {
    s.(schedulerRuns := s.schedulerRuns[k := Locked(s.api.instances[k], listed, unused)], lock := Some(k))
  }

  predicate CanStart(s: State, k: Key) {
    k in s.api.instances && k !in s.schedulerRuns && s.lock == None
  }

  lemma SchedulerReads(s: State, k: Key)
    requires CanStart(s, k)
    ensures Next(s, SchedulerRead(k), Pass(s, k))
  {
    assert SchedulerNext(s, SchedulerRead(k), Pass(s, k));
  }

  lemma SchedulerWrites(s: State, k: Key)
    requires CanStart(s, k) && Scheduler.Decide(s.api.instances[k]).UpdateInstance?
    ensures Next(Pass(s, k), SchedulerWrite(k), s.(api := WriteInstance(s.api, k, Scheduler.Decide(s.api.instances[k]).bmi)))
  {
    hide Scheduler.Decide;
    assert Pass(s, k).schedulerRuns - {k} == s.schedulerRuns;
    assert SchedulerNext(Pass(s, k), SchedulerWrite(k),
                         s.(api := WriteInstance(s.api, k, Scheduler.Decide(s.api.instances[k]).bmi)));
  }

  lemma SchedulerGivesUp(s: State, k: Key)
    requires CanStart(s, k)
    ensures Next(Pass(s, k), AbortScheduler(k), s)
  {
    assert Pass(s, k).schedulerRuns - {k} == s.schedulerRuns;
    assert SchedulerNext(Pass(s, k), AbortScheduler(k), s);
  }

  lemma SchedulerLetsGo(s: State, k: Key)
    requires CanStart(s, k)
    ensures Next(Holding(s, k, map[], {}), AbortScheduler(k), s)
  {
    assert Holding(s, k, map[], {}).schedulerRuns - {k} == s.schedulerRuns;
    assert SchedulerNext(Holding(s, k, map[], {}), AbortScheduler(k), s);
  }

  lemma SchedulerLocks(s: State, k: Key)
    requires CanStart(s, k)
    requires var e := Scheduler.Decide(s.api.instances[k]); e.Unassign? || e.FindHardware?
    ensures Next(Pass(s, k), SchedulerLock(k), Holding(s, k, map[], {}))
  {
    hide Scheduler.Decide;
    var s1, s2 := Pass(s, k), Holding(s, k, map[], {});
    assert s1.schedulerRuns[k := s2.schedulerRuns[k]] == s2.schedulerRuns;
    assert SchedulerNext(s1, SchedulerLock(k), s2);
  }

  lemma SchedulerUnassigns(s: State, k: Key)
    requires CanStart(s, k) && Scheduler.Decide(s.api.instances[k]).Unassign?
    ensures Next(Holding(s, k, map[], {}), SchedulerUnassign(k),
                 s.(api := WriteInstance(s.api, k, Scheduler.Decide(s.api.instances[k]).bmi)))
  {
    hide Scheduler.Decide;
    assert Holding(s, k, map[], {}).schedulerRuns - {k} == s.schedulerRuns;
    assert SchedulerNext(Holding(s, k, map[], {}), SchedulerUnassign(k),
                         s.(api := WriteInstance(s.api, k, Scheduler.Decide(s.api.instances[k]).bmi)));
  }

  function ListedIn(s: State, ns: string): map<Key, Hardware> {
    map h | h in s.api.hardware && h.ns == ns :: s.api.hardware[h]
  }

  lemma SchedulerLists(s: State, k: Key)
    requires CanStart(s, k)
    ensures Next(Holding(s, k, map[], {}), SchedulerList(k), Holding(s, k, ListedIn(s, k.ns), {}))
  {
    var s2, s3 := Holding(s, k, map[], {}), Holding(s, k, ListedIn(s, k.ns), {});
    assert s2.schedulerRuns[k := s3.schedulerRuns[k]] == s3.schedulerRuns;
    assert SchedulerNext(s2, SchedulerList(k), s3);
  }

  lemma SchedulerChecks(s: State, k: Key, listed: map<Key, Hardware>, name: string)
    requires CanStart(s, k) && name != "" && NameUnused(s.api, name)
    ensures Next(Holding(s, k, listed, {}), SchedulerCheck(k, name), Holding(s, k, listed, {name}))
  {
    hide NameUnused;
    var s3, s4 := Holding(s, k, listed, {}), Holding(s, k, listed, {name});
    assert s3.schedulerRuns[k := s4.schedulerRuns[k]] == s4.schedulerRuns;
    assert {} + {name} == {name};
    assert SchedulerNext(s3, SchedulerCheck(k, name), s4);
  }

  /** Hardware the scheduler may assign to the instance. */
  predicate IsFree(s: State, hk: Key, bmi: Instance, tolerates: Scheduler.Tolerates) {
    && hk.name != "" && NameUnused(s.api, hk.name) && hk in s.api.hardware
    && !s.api.hardware[hk].deleting && s.api.hardware[hk].instanceRef == None && s.api.hardware[hk].canProvision
    && Scheduler.SelectorMatches(bmi.selector, s.api.hardware[hk].labels)
    && Scheduler.ToleratesAll(bmi, s.api.hardware[hk], tolerates)
  }

  lemma SchedulerAssigns(s: State, k: Key, name: string, tolerates: Scheduler.Tolerates)
    requires CanStart(s, k) && Scheduler.Decide(s.api.instances[k]).FindHardware?
    requires IsFree(s, Key(k.ns, name), s.api.instances[k], tolerates)
    ensures Next(Holding(s, k, ListedIn(s, k.ns), {name}), SchedulerAssign(k, name, tolerates),
                 s.(api := WriteInstance(s.api, k, s.api.instances[k].(hardwareName := name))))
  {
    hide Scheduler.Decide, NameUnused, Scheduler.SelectorMatches, Scheduler.ToleratesAll;
    var s4 := Holding(s, k, ListedIn(s, k.ns), {name});
    assert s4.schedulerRuns - {k} == s.schedulerRuns;
    assert SchedulerNext(s4, SchedulerAssign(k, name, tolerates),
                         s.(api := WriteInstance(s.api, k, s.api.instances[k].(hardwareName := name))));
  }

  lemma AcceptableIsFree(s: State, k: Key, bmi: Instance, tolerates: Scheduler.Tolerates, name: string)
    requires AllHardwareOk(s)
    requires Scheduler.VerdictOn(s.api, k.ns, bmi, tolerates, name) == Scheduler.Acceptable
    ensures IsFree(s, Key(k.ns, name), bmi, tolerates)
  {
    hide Scheduler.SelectorMatches, Scheduler.ToleratesAll, TenantOk, NameUnused;
    if Key(k.ns, name) in s.api.hardware {
      assert HardwareOk(s, Key(k.ns, name), s.api.hardware[Key(k.ns, name)]);
    }
  }

  lemma AssigningInSteps(s: State, k: Key, name: string, tolerates: Scheduler.Tolerates) returns (events: seq<Event>)
    requires CanStart(s, k) && Scheduler.Decide(s.api.instances[k]).FindHardware?
    requires IsFree(s, Key(k.ns, name), s.api.instances[k], tolerates)
    ensures Leads(Holding(s, k, map[], {}), events,
                  s.(api := WriteInstance(s.api, k, s.api.instances[k].(hardwareName := name))))
  {
    var listed := ListedIn(s, k.ns);
    var s' := s.(api := WriteInstance(s.api, k, s.api.instances[k].(hardwareName := name)));
    SchedulerLists(s, k);
    SchedulerChecks(s, k, listed, name);
    SchedulerAssigns(s, k, name, tolerates);
    hide Next, Holding, ListedIn, IsFree, Scheduler.Decide;
    TwoSteps(Holding(s, k, listed, {}), SchedulerCheck(k, name),
             Holding(s, k, listed, {name}), SchedulerAssign(k, name, tolerates), s');
    OneStep(Holding(s, k, map[], {}), SchedulerList(k), Holding(s, k, listed, {}),
            [SchedulerCheck(k, name), SchedulerAssign(k, name, tolerates)], s');
    return [SchedulerList(k)] + [SchedulerCheck(k, name), SchedulerAssign(k, name, tolerates)];
  }

  lemma FindingInSteps(s: State, k: Key, tolerates: Scheduler.Tolerates, names: seq<string>, choice: nat)
    returns (events: seq<Event>)
    requires CanStart(s, k) && AllHardwareOk(s) && Scheduler.Decide(s.api.instances[k]).FindHardware?
    ensures Leads(Holding(s, k, map[], {}), events,
                  s.(api := Scheduler.Assigned(s.api, k, s.api.instances[k], tolerates, names, choice)))
  {
    hide Next, Holding, HardwareOk, Scheduler.Decide, Scheduler.VerdictOn;
    var bmi := s.api.instances[k];
    var acceptable := Scheduler.Slice(s.api, k.ns, bmi, tolerates, names, Scheduler.Acceptable);
    if acceptable == [] {
      SchedulerLetsGo(s, k);
      LastStep(Holding(s, k, map[], {}), AbortScheduler(k), s);
      return [AbortScheduler(k)];
    }
    var name := acceptable[choice % |acceptable|];
    assert name in acceptable;
    AcceptableIsFree(s, k, bmi, tolerates, name);
    events := AssigningInSteps(s, k, name, tolerates);
  }

  lemma SchedulerPassInSteps(s: State, k: Key, tolerates: Scheduler.Tolerates, names: seq<string>, choice: nat)
    returns (events: seq<Event>)
    requires CanStart(s, k) && AllHardwareOk(s)
    ensures Leads(Pass(s, k), events, s.(api := Scheduler.Reconciled(s.api, k, tolerates, names, choice)))
  {
    var s' := s.(api := Scheduler.Reconciled(s.api, k, tolerates, names, choice));
    hide Next, Leads, Pass, Holding, AllHardwareOk, Scheduler.Decide, Scheduler.Assigned;
    match Scheduler.Decide(s.api.instances[k]) {
      case NoEffect =>
        SchedulerGivesUp(s, k);
        LastStep(Pass(s, k), AbortScheduler(k), s');
        events := [AbortScheduler(k)];
      case UpdateInstance(bmi) =>
        SchedulerWrites(s, k);
        LastStep(Pass(s, k), SchedulerWrite(k), s');
        events := [SchedulerWrite(k)];
      case Unassign(bmi) =>
        SchedulerLocks(s, k);
        SchedulerUnassigns(s, k);
        TwoSteps(Pass(s, k), SchedulerLock(k), Holding(s, k, map[], {}), SchedulerUnassign(k), s');
        events := [SchedulerLock(k), SchedulerUnassign(k)];
      case FindHardware =>
        SchedulerLocks(s, k);
        events := FindingInSteps(s, k, tolerates, names, choice);
        OneStep(Pass(s, k), SchedulerLock(k), Holding(s, k, map[], {}), events, s');
        events := [SchedulerLock(k)] + events;
    }
  }

  /** InstanceScheduler.Reconcile in steps: reading, and under the lock listing, checking the name
      and assigning it. */
  lemma SchedulerReconcileInSteps(s: State, k: Key, tolerates: Scheduler.Tolerates, names: seq<string>, choice: nat)
    returns (events: seq<Event>)
    requires k !in s.schedulerRuns && s.lock == None && AllHardwareOk(s)
    ensures Leads(s, events, s.(api := Scheduler.Reconciled(s.api, k, tolerates, names, choice)))
  {
    if k !in s.api.instances {
      return [];
    }
    SchedulerReads(s, k);
    hide Next, Leads, Pass, AllHardwareOk, Scheduler.Reconciled;
    events := SchedulerPassInSteps(s, k, tolerates, names, choice);
    OneStep(s, SchedulerRead(k), Pass(s, k), events, s.(api := Scheduler.Reconciled(s.api, k, tolerates, names, choice)));
    events := [SchedulerRead(k)] + events;
  }

  // ---------------------------------------------------------------- provisioner

  /** A provisioner pass for k in flight. */
  function InFlight(s: State, k: Key, r: Provisioner.Run): State {
    s.(provisionerRuns := s.provisionerRuns[k := r])
  }

  /** r has read part of what full has read. */
  predicate PartOf(r: Provisioner.Run, full: Provisioner.Run) {
    && r.bmi == full.bmi
    && (r.bmh.Some? ==> r.bmh == full.bmh)
    && (r.agent.Some? ==> r.agent == full.agent)
    && (r.network.Some? ==> r.network == full.network)
  }

  function Unread(r: Provisioner.Run): nat {
    (if r.bmh.None? then 1 else 0) + (if r.agent.None? then 1 else 0) + (if r.network.None? then 1 else 0)
  }

  /** A pass asks for what it needs, and then decides as if it had read everything. */
  lemma DecideOnDemand(k: Key, r: Provisioner.Run, full: Provisioner.Run)
    requires PartOf(r, full) && full.bmh.Some? && full.agent.Some? && full.network.Some?
    ensures var e := Provisioner.Decide(k, r);
            && (e.NeedHardware? ==> r.bmh.None?)
            && (e.NeedAgent? ==> r.agent.None? && r.bmi.agentInfo.Some?)
            && (e.NeedNetwork? ==> r.network.None? && r.bmh.Some? && r.bmh.value.Some?)
            && (!e.NeedHardware? && !e.NeedAgent? && !e.NeedNetwork? ==> e == Provisioner.Decide(k, full))
  {
  }

  lemma ProvisionerStarts(s: State, k: Key)
    requires k in s.api.instances && k !in s.provisionerRuns
    ensures Next(s, ProvisionerRead(k), InFlight(s, k, Provisioner.Run(s.api.instances[k], None, None, None)))
  {
    assert ProvisionerReads(s, ProvisionerRead(k), InFlight(s, k, Provisioner.Run(s.api.instances[k], None, None, None)));
  }

  lemma RunReplaced(s: State, k: Key, r: Provisioner.Run, r': Provisioner.Run)
    ensures InFlight(s, k, r).provisionerRuns[k := r'] == InFlight(s, k, r').provisionerRuns
    ensures k !in s.provisionerRuns ==> EndProvisioner(InFlight(s, k, r), k) == s
  {
    assert k !in s.provisionerRuns ==> InFlight(s, k, r).provisionerRuns - {k} == s.provisionerRuns;
  }

  lemma ReadsHardware(s: State, k: Key, r: Provisioner.Run)
    requires Provisioner.Decide(k, r).NeedHardware?
    ensures Next(InFlight(s, k, r), ProvisionerReadHardware(k),
                 InFlight(s, k, r.(bmh := Some(HardwareAt(s.api, Provisioner.HardwareKey(k, r.bmi))))))
  {
    hide Provisioner.Decide;
    var r' := r.(bmh := Some(HardwareAt(s.api, Provisioner.HardwareKey(k, r.bmi))));
    RunReplaced(s, k, r, r');
    assert ProvisionerReads(InFlight(s, k, r), ProvisionerReadHardware(k), InFlight(s, k, r'));
  }

  lemma AsksAgent(s: State, k: Key, r: Provisioner.Run)
    requires Provisioner.Decide(k, r).NeedAgent? && r.bmi.agentInfo.Some?
    ensures Next(InFlight(s, k, r), ProvisionerAskAgent(k),
                 InFlight(s, k, r.(agent := Some(Answer(s, r.bmi.agentInfo.value)))))
  {
    hide Provisioner.Decide;
    var r' := r.(agent := Some(Answer(s, r.bmi.agentInfo.value)));
    RunReplaced(s, k, r, r');
    assert ProvisionerReads(InFlight(s, k, r), ProvisionerAskAgent(k), InFlight(s, k, r'));
  }

  lemma AsksNetwork(s: State, k: Key, r: Provisioner.Run, network: Provisioner.NetworkAnswer)
    requires Provisioner.Decide(k, r).NeedNetwork?
    ensures Next(InFlight(s, k, r), ProvisionerNetwork(k, network), InFlight(s, k, r.(network := Some(network))))
  {
    hide Provisioner.Decide;
    var r' := r.(network := Some(network));
    RunReplaced(s, k, r, r');
    assert ProvisionerReads(InFlight(s, k, r), ProvisionerNetwork(k, network), InFlight(s, k, r'));
  }

  lemma ProvisionerGivesUp(s: State, k: Key, r: Provisioner.Run)
    requires k !in s.provisionerRuns
    ensures Next(InFlight(s, k, r), AbortProvisioner(k), s)
  {
    RunReplaced(s, k, r, r);
    assert ProvisionerActs(InFlight(s, k, r), AbortProvisioner(k), s);
  }

  lemma ProvisionerWritesInstance(s: State, k: Key, r: Provisioner.Run)
    requires k !in s.provisionerRuns && Provisioner.Decide(k, r).UpdateInstance?
    ensures Next(InFlight(s, k, r), ProvisionerWrite(k), s.(api := WriteInstance(s.api, k, Provisioner.Decide(k, r).bmi)))
  {
    hide Provisioner.Decide;
    RunReplaced(s, k, r, r);
    assert ProvisionerActs(InFlight(s, k, r), ProvisionerWrite(k),
                           s.(api := WriteInstance(s.api, k, Provisioner.Decide(k, r).bmi)));
  }

  lemma ProvisionerWritesHardware(s: State, k: Key, r: Provisioner.Run)
    requires k !in s.provisionerRuns && Provisioner.Decide(k, r).UpdateHardware?
    ensures Next(InFlight(s, k, r), ProvisionerClaimOrRelease(k),
                 AfterClaimOrRelease(s, Provisioner.HardwareKey(k, r.bmi), Provisioner.Decide(k, r).bmh))
  {
    hide Provisioner.Decide;
    RunReplaced(s, k, r, r);
    assert ProvisionerActs(InFlight(s, k, r), ProvisionerClaimOrRelease(k),
                           AfterClaimOrRelease(s, Provisioner.HardwareKey(k, r.bmi), Provisioner.Decide(k, r).bmh));
  }

  lemma ProvisionerPosts(s: State, k: Key, r: Provisioner.Run)
    requires k !in s.provisionerRuns && r.bmi.agentInfo.Some?
    requires Provisioner.Decide(k, r).PostClean? || Provisioner.Decide(k, r).PostImage?
    ensures Next(InFlight(s, k, r), ProvisionerPost(k), AfterPost(s, r.bmi.agentInfo.value, Posted(k, r), r.bmi.uid))
  {
    hide Provisioner.Decide;
    RunReplaced(s, k, r, r);
    assert ProvisionerActs(InFlight(s, k, r), ProvisionerPost(k),
                           AfterPost(s, r.bmi.agentInfo.value, Posted(k, r), r.bmi.uid));
  }

  lemma PostsHaveAgent(k: Key, r: Provisioner.Run)
    requires Provisioner.Decide(k, r).PostClean? || Provisioner.Decide(k, r).PostImage?
    ensures r.bmi.agentInfo.Some?
  {
  }

  /** The last step of a pass that has read enough, and where it leads. */
  function LastEvent(k: Key, d: Provisioner.Effect): Event {
    if d.UpdateInstance? then ProvisionerWrite(k)
    else if d.UpdateHardware? then ProvisionerClaimOrRelease(k)
    else if d.PostClean? || d.PostImage? then ProvisionerPost(k)
    else AbortProvisioner(k)
  }

  function LastState(s: State, k: Key, r: Provisioner.Run, d: Provisioner.Effect): State {
    if d.UpdateInstance? then s.(api := WriteInstance(s.api, k, d.bmi))
    else if d.UpdateHardware? then AfterClaimOrRelease(s, Provisioner.HardwareKey(k, r.bmi), d.bmh)
    else if (d.PostClean? || d.PostImage?) && r.bmi.agentInfo.Some? then
      AfterPost(s, r.bmi.agentInfo.value, if d.PostImage? then Imaging else CleaningDisks, r.bmi.uid)
    else s
  }

  /** Only the objects, the boots and the history moved. */
  predicate OnlyResult(s: State, s': State) {
    s' == s.(api := s'.api, boots := s'.boots, dirty := s'.dirty, bound := s'.bound)
  }

  lemma PostIsSent(s: State, machine: string, t: ActionType, uid: nat)
    ensures var s' := AfterPost(s, machine, t, uid);
            OnlyResult(s, s') && s'.api == s.api && s'.boots == Provisioner.PostTo(s.boots, machine, t)
  {
  }

  lemma ClaimIsWritten(s: State, hk: Key, bmh: Hardware)
    ensures var s' := AfterClaimOrRelease(s, hk, bmh);
            OnlyResult(s, s') && s'.api == WriteHardware(s.api, hk, bmh) && s'.boots == s.boots
  {
    hide PutHardware, Unbind;
  }

  lemma WriteIsWritten(s: State, c: Cluster)
    ensures var s' := s.(api := c); OnlyResult(s, s') && s'.api == c && s'.boots == s.boots
  {
  }

  lemma LastStepLeads(s: State, k: Key, r: Provisioner.Run, d: Provisioner.Effect)
    requires k !in s.provisionerRuns
    requires d == Provisioner.Decide(k, r) || d == Provisioner.NoEffect
    requires !d.NeedHardware? && !d.NeedAgent? && !d.NeedNetwork?
    ensures Next(InFlight(s, k, r), LastEvent(k, d), LastState(s, k, r, d)) && !ByUser(LastEvent(k, d))
  {
    if d.PostClean? || d.PostImage? {
      PostsHaveAgent(k, r);
      ProvisionerPosts(s, k, r);
    } else if d.UpdateInstance? {
      ProvisionerWritesInstance(s, k, r);
    } else if d.UpdateHardware? {
      ProvisionerWritesHardware(s, k, r);
    } else {
      ProvisionerGivesUp(s, k, r);
    }
    hide Next, InFlight, Provisioner.Decide;
  }

  // ---------------------------------------------------------------- /ready

  /** A /ready request in flight, which found hardware hk for the machine. */
  function Reporting(s: State, id: nat, machine: string, hk: Key, ref: InstanceRef, bmi: Option<Instance>): State {
    s.(readyRuns := s.readyRuns[id := ReadyRun(machine, hk, ref, bmi)], bound := s.bound[machine := hk])
  }

  lemma ReadyFinds(s: State, id: nat, machine: string, hk: Key, k: Key)
    requires id !in s.readyRuns && Discovery.BindsTo(s.api, machine, hk, k)
    ensures Next(s, ReadyFind(id, machine, hk), Reporting(s, id, machine, hk, s.api.hardware[hk].instanceRef.value, None))
  {
    assert ReadyNext(s, ReadyFind(id, machine, hk), Reporting(s, id, machine, hk, s.api.hardware[hk].instanceRef.value, None));
  }

  lemma ReadyReads(s: State, id: nat, machine: string, hk: Key, ref: InstanceRef)
    requires ref.key in s.api.instances
    ensures Next(Reporting(s, id, machine, hk, ref, None), ReadyRead(id),
                 Reporting(s, id, machine, hk, ref, Some(s.api.instances[ref.key])))
  {
    var s1, s2 := Reporting(s, id, machine, hk, ref, None), Reporting(s, id, machine, hk, ref, Some(s.api.instances[ref.key]));
    assert s1.readyRuns[id := s2.readyRuns[id]] == s2.readyRuns;
    assert ReadyNext(s1, ReadyRead(id), s2);
  }

  lemma ReadyWrites(s: State, id: nat, machine: string, hk: Key, ref: InstanceRef)
    requires id !in s.readyRuns && ref.key in s.api.instances && Discovery.WantsAgent(s.api.instances[ref.key], ref)
    ensures Next(Reporting(s, id, machine, hk, ref, Some(s.api.instances[ref.key])), ReadyWrite(id),
                 s.(api := WriteInstance(s.api, ref.key, s.api.instances[ref.key].(agentInfo := Some(machine))),
                    bound := s.bound[machine := hk]))
  {
    var s2 := Reporting(s, id, machine, hk, ref, Some(s.api.instances[ref.key]));
    assert s2.readyRuns - {id} == s.readyRuns;
    assert ReadyNext(s2, ReadyWrite(id),
                     s.(api := WriteInstance(s.api, ref.key, s.api.instances[ref.key].(agentInfo := Some(machine))),
                        bound := s.bound[machine := hk]));
  }

  /** Server.Ready in steps, when the machine reports for an instance that waits for it. */
  lemma ReadyInSteps(s: State, id: nat, machine: string, hk: Key, k: Key) returns (events: seq<Event>)
    requires id !in s.readyRuns && Discovery.BindsTo(s.api, machine, hk, k)
    ensures Leads(s, events, s.(api := WriteInstance(s.api, k, s.api.instances[k].(agentInfo := Some(machine))),
                                bound := s.bound[machine := hk]))
  {
    var ref := s.api.hardware[hk].instanceRef.value;
    var s' := s.(api := WriteInstance(s.api, k, s.api.instances[k].(agentInfo := Some(machine))),
                 bound := s.bound[machine := hk]);
    ReadyFinds(s, id, machine, hk, k);
    ReadyReads(s, id, machine, hk, ref);
    ReadyWrites(s, id, machine, hk, ref);
    hide Next, Reporting;
    TwoSteps(Reporting(s, id, machine, hk, ref, None), ReadyRead(id),
             Reporting(s, id, machine, hk, ref, Some(s.api.instances[k])), ReadyWrite(id), s');
    OneStep(s, ReadyFind(id, machine, hk), Reporting(s, id, machine, hk, ref, None), [ReadyRead(id), ReadyWrite(id)], s');
    events := [ReadyFind(id, machine, hk)] + [ReadyRead(id), ReadyWrite(id)];
  }
}
