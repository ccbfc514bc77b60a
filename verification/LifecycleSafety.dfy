// What holds in every run of the instance and hardware life cycle.
module LifecycleSafety {
  import opened Common
  import opened Objects
  import opened Store
  import opened Agent
  import opened Lifecycle
  import opened LifecycleInvariant
  import opened LifecycleSteps
  import opened LifecycleOtherSteps
  import opened LifecycleProvisionerSteps
  import Provisioner
  import HardwareController

  lemma NextKeepsInv(s: State, e: Event, s': State)
    requires Inv(s) && Next(s, e, s')
    ensures Inv(s')
  {
    hide UserNext, MachineNext, ControllerNext, SchedulerNext, ProvisionerReads, ProvisionerActs, HardwareNext, ReadyNext;
    if UserNext(s, e, s') {
      UserKeepsInv(s, e, s');
    } else if MachineNext(s, e, s') {
      MachineKeepsInv(s, e, s');
    } else if ControllerNext(s, e, s') {
      ControllerKeepsInv(s, e, s');
    } else if SchedulerNext(s, e, s') {
      SchedulerKeepsInv(s, e, s');
    } else if ProvisionerReads(s, e, s') {
      ProvisionerReadsKeepInv(s, e, s');
    } else if ProvisionerActs(s, e, s') {
      ProvisionerActsKeepInv(s, e, s');
    } else if HardwareNext(s, e, s') {
      HardwareKeepsInv(s, e, s');
    } else {
      ReadyKeepsInv(s, e, s');
    }
  }

  lemma {:induction false} InvInEveryRun(states: seq<State>, events: seq<Event>, i: nat)
    requires IsRun(states, events) && i < |states|
    ensures Inv(states[i])
  {
    if i == 0 {
      InitInv();
    } else {
      InvInEveryRun(states, events, i - 1);
      assert StepAt(states, events, i - 1);
      NextKeepsInv(states[i - 1], events[i - 1], states[i]);
    }
  }

  // ---------------------------------------------------------------- ownership and exclusiveness

  /** A hardware object that names an instance names one that exists, is scheduled on this very
      hardware, and is being provisioned, running or being cleaned. */
  lemma OwnershipAgrees(states: seq<State>, events: seq<Event>, i: nat, hk: Key)
    requires IsRun(states, events) && i < |states|
    requires hk in states[i].api.hardware && states[i].api.hardware[hk].instanceRef.Some?
    ensures var ref := states[i].api.hardware[hk].instanceRef.value;
            && ref.key in states[i].api.instances
            && var bmi := states[i].api.instances[ref.key];
               && bmi.uid == ref.uid
               && bmi.Is(InstanceScheduled, StatusTrue)
               && ref.key.ns == hk.ns && bmi.hardwareName == hk.name
               && (bmi.phase == Provisioning || bmi.phase == Running || bmi.phase == Cleaning)
  {
    InvInEveryRun(states, events, i);
    assert HardwareOk(states[i], hk, states[i].api.hardware[hk]);
    var k := states[i].api.hardware[hk].instanceRef.value.key;
    assert InstanceOk(states[i], k, states[i].api.instances[k]);
  }

  /** No two instances, in whatever namespaces, are given the same hardware name, and no two
      hardware objects name the same instance. */
  lemma AssignmentIsExclusive(states: seq<State>, events: seq<Event>, i: nat)
    requires IsRun(states, events) && i < |states|
    ensures forall k, j ::
              (k in states[i].api.instances && j in states[i].api.instances && k != j &&
               states[i].api.instances[k].hardwareName != "") ==>
              states[i].api.instances[k].hardwareName != states[i].api.instances[j].hardwareName
    ensures forall h, g ::
              (h in states[i].api.hardware && g in states[i].api.hardware && h != g &&
               states[i].api.hardware[h].instanceRef.Some?) ==>
              states[i].api.hardware[h].instanceRef != states[i].api.hardware[g].instanceRef
  {
    InvInEveryRun(states, events, i);
    var c := states[i].api;
    forall k, j | k in c.instances && j in c.instances && k != j && c.instances[k].hardwareName != ""
      ensures c.instances[k].hardwareName != c.instances[j].hardwareName
    {
      assert DistinctInstances(c.instances[k], c.instances[j]);
    }
    forall h, g | h in c.hardware && g in c.hardware && h != g && c.hardware[h].instanceRef.Some?
      ensures c.hardware[h].instanceRef != c.hardware[g].instanceRef
    {
      assert HardwareOk(states[i], h, c.hardware[h]) && HardwareOk(states[i], g, c.hardware[g]);
    }
  }

  /** The provisioner never sees hardware that names another instance, also when it read the
      hardware long after the instance; so it never takes either of its mismatch branches. */
  lemma ProvisionerSeesNoOtherTenant(states: seq<State>, events: seq<Event>, i: nat, k: Key)
    requires IsRun(states, events) && i < |states| && k in states[i].provisionerRuns
    ensures var r := states[i].provisionerRuns[k];
            WorksOnHardware(r) && r.bmh.Some? && r.bmh.value.Some? && r.bmh.value.value.instanceRef.Some? ==>
              r.bmh.value.value.instanceRef == Some(InstanceRef(k, r.bmi.uid))
  {
    InvInEveryRun(states, events, i);
    assert ProvisionerRunOk(states[i], k, states[i].provisionerRuns[k]);
  }

  /** The hardware controller never takes a tenant away: whenever its lookup makes a reference
      look stale, the hardware object has moved on and the write is refused. */
  lemma StaleClearingNeverLands(states: seq<State>, events: seq<Event>, i: nat, hk: Key)
    requires IsRun(states, events) && i < |states| && hk in states[i].hardwareRuns
    ensures var r := states[i].hardwareRuns[hk];
            r.bmh.instanceRef.Some? && r.tenant.Some? && HardwareController.Stale(r.bmh.instanceRef.value, r.tenant.value) ==>
              !FreshHardware(states[i].api, hk, r.bmh)
  {
    InvInEveryRun(states, events, i);
    assert HardwareRunOk(states[i], hk, states[i].hardwareRuns[hk]);
  }

  /** A running instance is scheduled and networked, has let go of its agent, and sits on
      existing hardware that names it and whose disks carry an image accepted for it. */
  lemma RunningMeans(states: seq<State>, events: seq<Event>, i: nat, k: Key)
    requires IsRun(states, events) && i < |states|
    requires k in states[i].api.instances && states[i].api.instances[k].phase == Running
    ensures var bmi := states[i].api.instances[k];
            var hk := Key(k.ns, bmi.hardwareName);
            && bmi.Is(InstanceScheduled, StatusTrue)
            && bmi.Is(InstanceNetworked, StatusTrue)
            && bmi.Is(InstanceImaged, StatusTrue)
            && bmi.agentInfo == None
            && hk in states[i].api.hardware
            && states[i].api.hardware[hk].instanceRef == Some(InstanceRef(k, bmi.uid))
            && states[i].api.hardware[hk].systemUUID in states[i].dirty
            && states[i].dirty[states[i].api.hardware[hk].systemUUID] == bmi.uid
  {
    InvInEveryRun(states, events, i);
    assert InstanceOk(states[i], k, states[i].api.instances[k]);
  }

  // ---------------------------------------------------------------- clean before reuse

  /** Event e makes the agent of the machine accept an image request for instance uid. */
  predicate ImageAccepted(s: State, e: Event, machine: string, uid: nat) {
    && e.ProvisionerPost? && e.k in s.provisionerRuns
    && var r := s.provisionerRuns[e.k];
       && Provisioner.Decide(e.k, r).PostImage?
       && r.bmi.agentInfo == Some(machine) && r.bmi.uid == uid
       && machine in s.boots && Accepts(s.boots[machine])
  }

  /** Event e is a clean action on the machine coming to an end without an error. */
  predicate DisksCleaned(s: State, e: Event, machine: string) {
    e.EndAction? && e.machine == machine && machine in s.boots && EndsClean(s.boots[machine], e.failed)
  }

  lemma MachineDirties(s: State, e: Event, s': State, machine: string)
    requires MachineNext(s, e, s') && machine in s.dirty && !DisksCleaned(s, e, machine)
    ensures machine in s'.dirty && s'.dirty[machine] == s.dirty[machine]
  {
  }

  lemma ProvisionerDirties(s: State, e: Event, s': State, machine: string)
    requires ProvisionerActs(s, e, s') && machine in s.dirty
    ensures machine in s'.dirty
    ensures s'.dirty[machine] == s.dirty[machine] || ImageAccepted(s, e, machine, s'.dirty[machine])
  {
  }

  lemma SchedulerDirtiesNot(s: State, e: Event, s': State)
    requires SchedulerNext(s, e, s') || ProvisionerReads(s, e, s')
    ensures s'.dirty == s.dirty
  {
  }

  lemma UsersDirtyNot(s: State, e: Event, s': State)
    requires UserNext(s, e, s')
    ensures s'.dirty == s.dirty
  {
  }

  lemma ControllerDirtiesNot(s: State, e: Event, s': State)
    requires ControllerNext(s, e, s')
    ensures s'.dirty == s.dirty
  {
  }

  lemma OthersDirtyNot(s: State, e: Event, s': State)
    requires HardwareNext(s, e, s') || ReadyNext(s, e, s')
    ensures s'.dirty == s.dirty
  {
  }

  lemma DirtyChanges(s: State, e: Event, s': State, machine: string)
    requires Next(s, e, s') && machine in s.dirty && !DisksCleaned(s, e, machine)
    ensures machine in s'.dirty
    ensures s'.dirty[machine] == s.dirty[machine] || ImageAccepted(s, e, machine, s'.dirty[machine])
  {
    if MachineNext(s, e, s') {
      MachineDirties(s, e, s', machine);
    } else if ProvisionerActs(s, e, s') {
      ProvisionerDirties(s, e, s', machine);
    } else if SchedulerNext(s, e, s') || ProvisionerReads(s, e, s') {
      SchedulerDirtiesNot(s, e, s');
    } else if UserNext(s, e, s') {
      UsersDirtyNot(s, e, s');
    } else if ControllerNext(s, e, s') {
      ControllerDirtiesNot(s, e, s');
    } else {
      OthersDirtyNot(s, e, s');
    }
  }

  lemma DirtyStep(s: State, e: Event, s': State, machine: string, uid: nat)
    requires Inv(s) && Next(s, e, s') && !DisksCleaned(s, e, machine)
    requires machine in s.dirty && s.dirty[machine] == uid
    ensures machine in s'.dirty && s'.dirty[machine] == uid
  {
    DirtyChanges(s, e, s', machine);
    if ImageAccepted(s, e, machine, s'.dirty[machine]) {
      AcceptedOnOwnDisks(s, e, machine, s'.dirty[machine]);
    }
  }

  lemma AcceptedDirties(s: State, e: Event, s': State, machine: string, uid: nat)
    requires ProvisionerActs(s, e, s') && ImageAccepted(s, e, machine, uid)
    ensures machine in s'.dirty && s'.dirty[machine] == uid
  {
  }

  lemma PostsAreActs(s: State, e: Event, s': State)
    requires Next(s, e, s') && e.ProvisionerPost?
    ensures ProvisionerActs(s, e, s')
  {
  }

  /** An image is only accepted on clean disks or over an image of the same instance. */
  lemma AcceptedOnOwnDisks(s: State, e: Event, machine: string, uid: nat)
    requires Inv(s) && ImageAccepted(s, e, machine, uid)
    ensures machine in s.dirty ==> s.dirty[machine] == uid
  {
    var r := s.provisionerRuns[e.k];
    assert ProvisionerRunOk(s, e.k, r);
    PostEffect(e.k, r);
    TenantStays(s, e.k, r);
    assert MachineOk(s, machine);
    DirtyOfTenant(s, machine, e.k, s.api.instances[e.k]);
  }

  lemma {:induction false} StaysDirty(states: seq<State>, events: seq<Event>, machine: string, uid: nat, a: nat, b: nat)
    requires IsRun(states, events) && a < b < |states|
    requires ImageAccepted(states[a], events[a], machine, uid)
    requires forall c :: a < c < b ==> !DisksCleaned(states[c], events[c], machine)
    ensures machine in states[b].dirty && states[b].dirty[machine] == uid
    decreases b
  {
    hide Inv, Next;
    assert StepAt(states, events, b - 1);
    if b == a + 1 {
      PostsAreActs(states[a], events[a], states[b]);
      AcceptedDirties(states[a], events[a], states[b], machine, uid);
    } else {
      StaysDirty(states, events, machine, uid, a, b - 1);
      InvInEveryRun(states, events, b - 1);
      DirtyStep(states[b - 1], events[b - 1], states[b], machine, uid);
    }
  }

  /** In every run, between an image accepted for one instance and an image accepted for another
      on the same machine, a clean action on that machine ended without an error. */
  lemma CleanBeforeReuse(states: seq<State>, events: seq<Event>, machine: string,
                         a: nat, first: nat, b: nat, second: nat)
    requires IsRun(states, events) && a < b < |events|
    requires ImageAccepted(states[a], events[a], machine, first)
    requires ImageAccepted(states[b], events[b], machine, second)
    requires first != second
    ensures exists c :: a < c < b && DisksCleaned(states[c], events[c], machine)
  {
    if forall c :: a < c < b ==> !DisksCleaned(states[c], events[c], machine) {
      StaysDirty(states, events, machine, first, a, b);
      InvInEveryRun(states, events, b);
      AcceptedOnOwnDisks(states[b], events[b], machine, second);
      assert false;
    }
  }

  /** A machine none of whose hardware objects has a tenant carries nobody's image. */
  lemma FreeMeansClean(states: seq<State>, events: seq<Event>, i: nat, machine: string)
    requires IsRun(states, events) && i < |states|
    requires forall hk :: hk in states[i].api.hardware && states[i].api.hardware[hk].systemUUID == machine ==>
               states[i].api.hardware[hk].instanceRef.None?
    ensures machine !in states[i].dirty
  {
    InvInEveryRun(states, events, i);
    assert MachineOk(states[i], machine);
    assert machine in states[i].bound ==> BoundOk(states[i], machine);
  }
}
